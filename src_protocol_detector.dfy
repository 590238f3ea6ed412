/**
 * The packaged `lfas_protocol` detector (src/lfas_protocol/detector.py):
 * built-in phrase lists, phrases lowered before the test, and the trigger
 * count is the number of distinct categories matched, not of phrases; the
 * thresholds 0, 1-2, 3 or more apply to that category count.
 */
module SrcProtocolDetector {
  import opened Strings
  import opened Common
  import opened Taxonomy

  /** `_get_default_indicators`, in insertion order. */
  const DefaultIndicators: Table := [
    Entry("crisis_language", [
      "last hope", "only chance", "can't take it anymore", "nobody understands",
      "completely alone", "if this doesn't work", "i'm done",
      "thinking about ending it", "don't want to live"]),
    Entry("financial_desperation", [
      "lost my job", "last $", "need money fast", "desperate for income",
      "can't pay bills", "behind on rent", "facing eviction"]),
    Entry("health_crisis", [
      "can't see a doctor", "no insurance", "pain won't stop", "no medical help",
      "can't afford medication"]),
    Entry("isolation_indicators", [
      "no one to talk to", "family doesn't understand",
      "you're the only one who listens", "completely alone in this"])]

  /** One entry of the `categories` dictionary: a category and how many of its phrases matched. */
  datatype CategoryCount = CategoryCount(category: string, count: nat)

  /** The dictionary `analyze` returns. */
  datatype Analysis = Analysis(
    triggers: seq<string>,
    triggerCount: nat,
    protectionLevel: ProtectionLevel,
    matchedPhrases: seq<string>,
    categories: seq<CategoryCount>)

  /** `_calculate_protection_level` on the number of categories: 0, 1-2, 3 or more. */
  function CalculateProtectionLevel(triggerCount: nat): (level: ProtectionLevel)
    ensures level == Standard <==> triggerCount == 0
    ensures level == Enhanced <==> 1 <= triggerCount <= 2
    ensures level == Crisis <==> triggerCount >= 3
  {
    if triggerCount == 0 then Standard
    else if triggerCount <= 2 then Enhanced
    else Crisis
  }

  /** The per-category match counts, only for categories with a match, in table order. */
  function CategoryCounts(table: Table, text: string): seq<CategoryCount>
  {
    if table == [] then []
    else
      var n := |table| - 1;
      var matches := |Matching(table[n].values, text, true)|;
      CategoryCounts(table[..n], text) + (if matches > 0 then [CategoryCount(table[n].key, matches)] else [])
  }

  /** The sum of the counts. */
  function TotalCount(cs: seq<CategoryCount>): nat
  {
    if cs == [] then 0 else TotalCount(cs[..|cs| - 1]) + cs[|cs| - 1].count
  }

  lemma {:induction false} TotalCountAppend(cs: seq<CategoryCount>, ds: seq<CategoryCount>)
    ensures TotalCount(cs + ds) == TotalCount(cs) + TotalCount(ds)
    decreases |ds|
  {
    if ds != [] {
      assert (cs + ds)[..|cs + ds| - 1] == cs + ds[..|ds| - 1];
      assert (cs + ds)[|cs + ds| - 1] == ds[|ds| - 1];
      TotalCountAppend(cs, ds[..|ds| - 1]);
    } else {
      assert cs + ds == cs;
    }
  }

  /**
   * The dictionary of counts agrees with the rest of the result: its keys
   * are the triggered categories, every count is at least one, and the
   * counts add up to the number of matched phrases.
   */
  lemma {:induction false} CategoryCountsAgree(table: Table, text: string)
    ensures forall e | e in CategoryCounts(table, text) :: e.count >= 1
    ensures forall c :: c in TriggeredCategories(table, text, true) <==>
      exists e | e in CategoryCounts(table, text) :: e.category == c
    ensures TotalCount(CategoryCounts(table, text)) == |Triggered(table, text, true)|
  {
    CategoryCountsPositive(table, text);
    CategoryCountsKeys(table, text);
    CategoryCountsTotal(table, text);
  }

  /** Only categories with a match get a count, so every count is at least one. */
  lemma {:induction false} CategoryCountsPositive(table: Table, text: string)
    ensures forall e | e in CategoryCounts(table, text) :: e.count >= 1
    decreases |table|
  {
    if table != [] {
      CategoryCountsPositive(table[..|table| - 1], text);
    }
  }

  /** The categories with a count are the triggered categories. */
  lemma {:induction false} CategoryCountsKeys(table: Table, text: string)
    ensures forall c :: c in TriggeredCategories(table, text, true) <==>
      exists e | e in CategoryCounts(table, text) :: e.category == c
    decreases |table|
  {
    if table != [] {
      var n := |table| - 1;
      CategoryCountsKeys(table[..n], text);
      var matches := |Matching(table[n].values, text, true)|;
      var last := if matches > 0 then [CategoryCount(table[n].key, matches)] else [];
      assert CategoryCounts(table, text) == CategoryCounts(table[..n], text) + last;
      forall c ensures c in TriggeredCategories(table, text, true) <==>
        exists e | e in CategoryCounts(table, text) :: e.category == c
      {
        if c in TriggeredCategories(table[..n], text, true) {
          var e :| e in CategoryCounts(table[..n], text) && e.category == c;
          assert e in CategoryCounts(table, text);
        }
      }
    }
  }

  /** The counts add up to the number of matched phrases. */
  lemma {:induction false} CategoryCountsTotal(table: Table, text: string)
    ensures TotalCount(CategoryCounts(table, text)) == |Triggered(table, text, true)|
    decreases |table|
  {
    if table != [] {
      var n := |table| - 1;
      CategoryCountsTotal(table[..n], text);
      var matches := |Matching(table[n].values, text, true)|;
      var last := if matches > 0 then [CategoryCount(table[n].key, matches)] else [];
      TotalCountAppend(CategoryCounts(table[..n], text), last);
    }
  }

  /** The trigger count is the number of distinct categories, so never more than the table's four. */
  lemma TriggerCountAtMostFour(text: string)
    ensures |TriggeredCategories(DefaultIndicators, text, true)| <= 4
  {
    TriggeredCategoriesBound(DefaultIndicators, text, true);
  }

  /** However many phrases match, matches in at most two categories give at most ENHANCED. */
  lemma TwoCategoriesAtMostEnhanced(table: Table, text: string, a: nat, b: nat)
    requires a < |table| && b < |table|
    requires forall i | 0 <= i < |table| && i != a && i != b :: Matching(table[i].values, text, true) == []
    ensures CalculateProtectionLevel(|TriggeredCategories(table, text, true)|) != Crisis
  {
    var cats := TriggeredCategories(table, text, true);
    forall c | c in cats ensures c in {table[a].key, table[b].key} {
      TriggeredCategoriesMembers(table, text, true, c);
      var i :| 0 <= i < |table| && table[i].key == c && exists p | p in table[i].values :: Hit(p, text, true);
      var p :| p in table[i].values && Hit(p, text, true);
      MatchingMembers(table[i].values, text, true, p);
    }
    assert cats <= {table[a].key, table[b].key};
    SetCardinalityBound(cats, {table[a].key, table[b].key});
  }

  lemma SetCardinalityBound(s: set<string>, t: set<string>)
    requires s <= t
    ensures |s| <= |t|
  {
    assert t == s + (t - s);
  }

  class VulnerabilityDetector {
    const indicators: Table

    /** The specification path is reserved; the built-in indicators are used. */
    constructor (specPath: Option<string>)
      ensures indicators == DefaultIndicators
    {
      indicators := DefaultIndicators;
    }

    /** `analyze`: the matched categories and phrases, the per-category counts, and the level from the category count. */
    method Analyze(message: string) returns (result: Analysis)
      ensures Distinct(result.triggers)
      ensures ToSet(result.triggers) == TriggeredCategories(indicators, Lower(message), true)
      ensures result.triggerCount == |TriggeredCategories(indicators, Lower(message), true)| == |result.triggers|
      ensures result.protectionLevel == CalculateProtectionLevel(result.triggerCount)
      ensures result.matchedPhrases == Triggered(indicators, Lower(message), true)
      ensures result.categories == CategoryCounts(indicators, Lower(message))
    {
      var messageLower := Lower(message);
      var triggers: set<string> := {};
      var matchedPhrases: seq<string> := [];
      var categories: seq<CategoryCount> := [];
      for i := 0 to |indicators|
        invariant triggers == TriggeredCategories(indicators[..i], messageLower, true)
        invariant matchedPhrases == Triggered(indicators[..i], messageLower, true)
        invariant categories == CategoryCounts(indicators[..i], messageLower)
      {
        assert indicators[..i + 1][..i] == indicators[..i];
        var category := indicators[i].key;
        var phrases := indicators[i].values;
        var categoryMatches := 0;
        ghost var triggersBefore := triggers;
        ghost var matchedBefore := matchedPhrases;
        for j := 0 to |phrases|
          invariant categoryMatches == |Matching(phrases[..j], messageLower, true)|
          invariant matchedPhrases == matchedBefore + Matching(phrases[..j], messageLower, true)
          invariant triggers ==
            triggersBefore + (if Matching(phrases[..j], messageLower, true) != [] then {category} else {})
        {
          assert phrases[..j + 1][..j] == phrases[..j];
          if Contains(messageLower, Lower(phrases[j])) {
            triggers := triggers + {category};
            matchedPhrases := matchedPhrases + [phrases[j]];
            categoryMatches := categoryMatches + 1;
          }
        }
        assert phrases[..|phrases|] == phrases;
        if categoryMatches > 0 {
          categories := categories + [CategoryCount(category, categoryMatches)];
        }
      }
      assert indicators[..|indicators|] == indicators;
      var triggerCount := |triggers|;
      var protectionLevel := CalculateProtectionLevel(triggerCount);
      var triggerList := SetToList(triggers);
      DistinctCardinality(triggerList);
      result := Analysis(triggerList, triggerCount, protectionLevel, matchedPhrases, categories);
    }
  }

  /** A list without repeats has as many elements as its set. */
  lemma {:induction false} DistinctCardinality(xs: seq<string>)
    requires Distinct(xs)
    ensures |ToSet(xs)| == |xs|
    decreases |xs|
  {
    if xs != [] {
      var init := xs[..|xs| - 1];
      assert Distinct(init);
      DistinctCardinality(init);
      assert ToSet(xs) == ToSet(init) + {xs[|xs| - 1]};
      assert xs[|xs| - 1] !in ToSet(init);
    }
  }

  /** Matching ignores the case of the message. */
  lemma CaseInsensitive(table: Table, message: string)
    ensures Triggered(table, Lower(Lower(message)), true) == Triggered(table, Lower(message), true)
    ensures CategoryCounts(table, Lower(Lower(message))) == CategoryCounts(table, Lower(message))
  {
    LowerIsLower(message);
  }
}
