/**
 * The LISTEN phase of the platform-independent middleware
 * (integrations/core/detector.py): four fixed phrase lists, a detection that
 * returns, per category, the phrases found in the current text or in the
 * last three history messages, and three summaries of such a detection.
 * Here the count is the number of DISTINCT phrases over all categories.
 */
module CoreDetector {
  import opened Strings
  import opened Common

  const CrisisLanguage: seq<string> := [
    "last hope", "only chance", "can't take it anymore",
    "nobody understands", "completely alone",
    "if this doesn't work, i'm done", "if this doesn't work, i am done",
    "thinking about ending it", "don't want to live",
    "want to die", "kill myself", "end it all",
    "no reason to live", "better off dead",
    "everything is hopeless", "hopeless", "no hope",
    "give up", "nothing matters", "worthless"
  ]

  const FinancialDesperation: seq<string> := [
    "lost my job", "last $", "need money fast",
    "desperate for income", "can't pay bills", "cannot pay bills",
    "behind on rent", "facing eviction",
    "can't afford", "cannot afford", "no money left",
    "broke", "bankrupt", "drowning in debt"
  ]

  const HealthCrisis: seq<string> := [
    "can't see a doctor", "cannot see a doctor", "no insurance",
    "pain won't stop", "no medical help",
    "can't afford medication", "cannot afford medication",
    "untreated", "no healthcare", "medical emergency"
  ]

  const IsolationIndicators: seq<string> := [
    "no one to talk to", "family doesn't understand",
    "you're the only one who listens", "you are the only one",
    "completely alone in this", "nobody cares",
    "no friends", "no support", "isolated"
  ]

  /** The four result keys, in the order `detect` creates them. */
  const CategoryNames: seq<string> :=
    ["crisis_language", "financial_desperation", "health_crisis", "isolation_indicators"]

  /** `self.all_indicators`. */
  const AllIndicators: Table := [
    Entry("crisis_language", CrisisLanguage),
    Entry("financial_desperation", FinancialDesperation),
    Entry("health_crisis", HealthCrisis),
    Entry("isolation_indicators", IsolationIndicators)
  ]

  // ---------------------------------------------------------------------
  // Specification of `detect`
  // ---------------------------------------------------------------------

  /** The history pass over one folded message: a phrase found there is appended unless already listed. */
  function AddNew(acc: seq<string>, inds: seq<string>, messageLower: string): seq<string>
  {
    if inds == [] then acc
    else
      var before := AddNew(acc, inds[..|inds| - 1], messageLower);
      var ind := inds[|inds| - 1];
      if Contains(messageLower, Lower(ind)) && ind !in before then before + [ind] else before
  }

  /** The history pass over the given messages, oldest first. */
  function WithHistory(acc: seq<string>, inds: seq<string>, messages: seq<string>): seq<string>
  {
    if messages == [] then acc
    else AddNew(WithHistory(acc, inds, messages[..|messages| - 1]), inds, Lower(messages[|messages| - 1]))
  }

  /** What `detect` lists under a category with phrases `inds`. */
  function CategoryHits(inds: seq<string>, text: string, history: seq<string>): seq<string>
  {
    WithHistory(Matching(inds, Lower(text), true), inds, Last(history, 3))
  }

  /** What `detect` returns, for the category table `tbl`. */
  function Detection(tbl: Table, text: string, history: seq<string>): (d: Table)
    ensures Keys(d) == Keys(tbl)
  {
    seq(|tbl|, k requires 0 <= k < |tbl| => Entry(tbl[k].key, CategoryHits(tbl[k].values, text, history)))
  }

  // ---------------------------------------------------------------------
  // detect
  // ---------------------------------------------------------------------

  /** Inner loop of the current-text pass for one category. */
  method ScanText(indicators: seq<string>, textLower: string) returns (found: seq<string>)
    ensures found == Matching(indicators, textLower, true)
  {
    found := [];
    for i := 0 to |indicators|
      invariant found == Matching(indicators[..i], textLower, true)
    {
      assert indicators[..i + 1][..i] == indicators[..i];
      if Contains(textLower, Lower(indicators[i])) {
        found := found + [indicators[i]];
      }
    }
    assert indicators[..|indicators|] == indicators;
  }

  /** Inner loop of the history pass for one category and one message. */
  method ScanMessage(listed: seq<string>, indicators: seq<string>, messageLower: string) returns (found: seq<string>)
    ensures found == AddNew(listed, indicators, messageLower)
  {
    found := listed;
    for i := 0 to |indicators|
      invariant found == AddNew(listed, indicators[..i], messageLower)
    {
      assert indicators[..i + 1][..i] == indicators[..i];
      if Contains(messageLower, Lower(indicators[i])) {
        if indicators[i] !in found {
          found := found + [indicators[i]];
        }
      }
    }
    assert indicators[..|indicators|] == indicators;
  }

  /** `VulnerabilityDetector`: the category table is an attribute set once by the constructor. */
  class VulnerabilityDetector {
    /** `self.all_indicators`. */
    const allIndicators: Table

    /** `detect` fills a dictionary with the four fixed keys, so the table must have exactly those keys. */
    ghost predicate Valid() {
      Keys(allIndicators) == CategoryNames
    }

    constructor ()
      ensures allIndicators == AllIndicators && Valid()
    {
      allIndicators := AllIndicators;
    }

    /**
     * `detect(text, conversation_history)`; an absent history is the empty
     * sequence.  The result always has the four keys.
     */
    method Detect(text: string, history: seq<string>) returns (detected: Table)
      requires Valid()
      ensures Keys(detected) == CategoryNames
      ensures detected == Detection(allIndicators, text, history)
    {
      var textLower := Lower(text);
      detected := [
        Entry("crisis_language", []),
        Entry("financial_desperation", []),
        Entry("health_crisis", []),
        Entry("isolation_indicators", [])
      ];
      assert forall c | 0 <= c < 4 :: detected[c].key == Keys(allIndicators)[c];
      for k := 0 to |allIndicators|
        invariant |detected| == 4
        invariant forall c | 0 <= c < k ::
          detected[c] == Entry(allIndicators[c].key, Matching(allIndicators[c].values, textLower, true))
        invariant forall c | k <= c < 4 :: detected[c] == Entry(allIndicators[c].key, [])
      {
        var found := ScanText(allIndicators[k].values, textLower);
        detected := detected[k := Entry(detected[k].key, found)];
      }
      if history != [] {
        var recent := Last(history, 3);
        for j := 0 to |recent|
          invariant |detected| == 4
          invariant forall c | 0 <= c < 4 ::
            detected[c] == Entry(allIndicators[c].key,
              WithHistory(Matching(allIndicators[c].values, textLower, true), allIndicators[c].values, recent[..j]))
        {
          var messageLower := Lower(recent[j]);
          assert recent[..j + 1][..j] == recent[..j];
          for k := 0 to |allIndicators|
            invariant |detected| == 4
            invariant forall c | 0 <= c < k ::
              detected[c] == Entry(allIndicators[c].key,
                WithHistory(Matching(allIndicators[c].values, textLower, true), allIndicators[c].values, recent[..j + 1]))
            invariant forall c | k <= c < 4 ::
              detected[c] == Entry(allIndicators[c].key,
                WithHistory(Matching(allIndicators[c].values, textLower, true), allIndicators[c].values, recent[..j]))
          {
            var found := ScanMessage(detected[k].values, allIndicators[k].values, messageLower);
            detected := detected[k := Entry(detected[k].key, found)];
          }
        }
        assert recent[..|recent|] == recent;
      }
    }
  }

  // ---------------------------------------------------------------------
  // Properties of the detection
  // ---------------------------------------------------------------------

  /** The history pass lists a phrase exactly when it was listed before or is one of `inds` found in the message. */
  lemma {:induction false} AddNewMembers(acc: seq<string>, inds: seq<string>, m: string, p: string)
    ensures p in AddNew(acc, inds, m) <==> p in acc || (p in inds && Contains(m, Lower(p)))
    decreases |inds|
  {
    if inds != [] {
      AddNewMembers(acc, inds[..|inds| - 1], m, p);
      assert inds == inds[..|inds| - 1] + [inds[|inds| - 1]];
    }
  }

  lemma {:induction false} WithHistoryMembers(acc: seq<string>, inds: seq<string>, messages: seq<string>, p: string)
    ensures p in WithHistory(acc, inds, messages) <==>
      p in acc || (p in inds && exists m | m in messages :: Contains(Lower(m), Lower(p)))
    decreases |messages|
  {
    if messages != [] {
      var init := messages[..|messages| - 1];
      WithHistoryMembers(acc, inds, init, p);
      AddNewMembers(WithHistory(acc, inds, init), inds, Lower(messages[|messages| - 1]), p);
      assert messages == init + [messages[|messages| - 1]];
    }
  }

  /**
   * A phrase is listed under a category exactly when it is one of that
   * category's phrases and occurs (case-folded) in the text or in one of the
   * last three history messages.
   */
  lemma CategoryHitsMembers(inds: seq<string>, text: string, history: seq<string>, p: string)
    ensures p in CategoryHits(inds, text, history) <==>
      p in inds && (Contains(Lower(text), Lower(p)) ||
                    exists m | m in Last(history, 3) :: Contains(Lower(m), Lower(p)))
  {
    MatchingMembers(inds, Lower(text), true, p);
    WithHistoryMembers(Matching(inds, Lower(text), true), inds, Last(history, 3), p);
  }

  /** Every phrase of a category found in the current text is listed under it. */
  lemma CurrentTextComplete(text: string, history: seq<string>, k: nat, p: string)
    requires k < 4 && p in AllIndicators[k].values && Contains(Lower(text), Lower(p))
    ensures p in Detection(AllIndicators, text, history)[k].values
  {
    CategoryHitsMembers(AllIndicators[k].values, text, history, p);
  }

  lemma {:induction false} MatchingDistinct(inds: seq<string>, t: string)
    requires Distinct(inds)
    ensures Distinct(Matching(inds, t, true))
    decreases |inds|
  {
    if inds != [] {
      var init := inds[..|inds| - 1];
      MatchingDistinct(init, t);
      MatchingMembers(init, t, true, inds[|inds| - 1]);
    }
  }

  lemma {:induction false} AddNewDistinct(acc: seq<string>, inds: seq<string>, m: string)
    requires Distinct(acc)
    ensures Distinct(AddNew(acc, inds, m))
    decreases |inds|
  {
    if inds != [] {
      AddNewDistinct(acc, inds[..|inds| - 1], m);
    }
  }

  lemma {:induction false} WithHistoryDistinct(acc: seq<string>, inds: seq<string>, messages: seq<string>)
    requires Distinct(acc)
    ensures Distinct(WithHistory(acc, inds, messages))
    decreases |messages|
  {
    if messages != [] {
      WithHistoryDistinct(acc, inds, messages[..|messages| - 1]);
      AddNewDistinct(WithHistory(acc, inds, messages[..|messages| - 1]), inds, Lower(messages[|messages| - 1]));
    }
  }

  /** A phrase found in both the text and the history is listed once per category. */
  lemma ListedOnce(inds: seq<string>, text: string, history: seq<string>)
    requires Distinct(inds)
    ensures Distinct(CategoryHits(inds, text, history))
  {
    MatchingDistinct(inds, Lower(text));
    WithHistoryDistinct(Matching(inds, Lower(text), true), inds, Last(history, 3));
  }

  /** History older than the last three messages never contributes. */
  lemma OlderHistoryIgnored(tbl: Table, text: string, older: seq<string>, history: seq<string>)
    requires |history| >= 3
    ensures Detection(tbl, text, older + history) == Detection(tbl, text, history)
  {
    LastIgnoresOlder(older, history, 3);
  }

  /** Detection is case-insensitive in the current text. */
  lemma CaseInsensitive(tbl: Table, text: string, history: seq<string>)
    ensures Detection(tbl, Lower(text), history) == Detection(tbl, text, history)
  {
    LowerIsLower(text);
  }

  // ---------------------------------------------------------------------
  // count_triggers, has_any_triggers, get_categories_triggered
  // ---------------------------------------------------------------------

  /** `count_triggers`: the size of the union of every listed phrase. */
  method CountTriggers(detected: Table) returns (n: nat)
    ensures n == |AllValues(detected)|
  {
    var allTriggers: set<string> := {};
    for i := 0 to |detected|
      invariant allTriggers == AllValues(detected[..i])
    {
      assert detected[..i + 1][..i] == detected[..i];
      allTriggers := allTriggers + ToSet(detected[i].values);
    }
    assert detected[..|detected|] == detected;
    n := |allTriggers|;
  }

  lemma {:induction false} SeqSetSize(s: seq<string>)
    ensures |ToSet(s)| <= |s|
    decreases |s|
  {
    if s != [] {
      var init := s[..|s| - 1];
      SeqSetSize(init);
      assert ToSet(s) == ToSet(init) + {s[|s| - 1]};
    }
  }

  /** Distinct phrases never outnumber the entries of all the lists together. */
  lemma {:induction false} CountAtMostTotal(t: Table)
    ensures |AllValues(t)| <= TotalLength(t)
    decreases |t|
  {
    if t != [] {
      var init := t[..|t| - 1];
      var last := ToSet(t[|t| - 1].values);
      CountAtMostTotal(init);
      SeqSetSize(t[|t| - 1].values);
      assert |AllValues(init) + last| <= |AllValues(init)| + |last|;
    }
  }

  /** Some phrase is listed exactly when some category has a non-empty list. */
  lemma {:induction false} AllValuesEmptyIff(t: Table)
    ensures AllValues(t) == {} <==> NonEmptyKeys(t) == {}
    decreases |t|
  {
    if t != [] {
      var init := t[..|t| - 1];
      var last := t[|t| - 1];
      AllValuesEmptyIff(init);
      assert NonEmptyKeys(t) == NonEmptyKeys(init) + (if last.values != [] then {last.key} else {}) by {
        forall c ensures c in NonEmptyKeys(t) <==> c in NonEmptyKeys(init) || (last.values != [] && c == last.key) {
          if c in NonEmptyKeys(t) {
            var i :| 0 <= i < |t| && t[i].values != [] && t[i].key == c;
            if i < |t| - 1 { assert init[i] == t[i]; }
          }
          if c in NonEmptyKeys(init) {
            var i :| 0 <= i < |init| && init[i].values != [] && init[i].key == c;
            assert t[i] == init[i];
          }
        }
      }
      if last.values != [] { assert last.values[0] in AllValues(t); }
    }
  }

  /** `get_categories_triggered`: the keys whose lists are non-empty. */
  function CategoriesTriggered(detected: Table): (cats: set<string>)
    ensures forall c | c in cats :: c in Keys(detected)
    ensures cats == {} <==> AllValues(detected) == {}
  {
    AllValuesEmptyIff(detected);
    NonEmptyKeys(detected)
  }

  /** `has_any_triggers`: `count_triggers(detected) > 0`. */
  method HasAnyTriggers(detected: Table) returns (any: bool)
    ensures any <==> |AllValues(detected)| > 0
    ensures any <==> CategoriesTriggered(detected) != {}
  {
    var n := CountTriggers(detected);
    any := n > 0;
  }
}
